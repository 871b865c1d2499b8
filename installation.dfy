/** The installation checklist and the weather-impact table. Both are
    ordered (component, value) lists in the calculator, built from literal
    entries whose keys are all different. */
module EarthpitInstall {
  import opened EarthpitTables

  datatype Option<T> = None | Some(value: T)

  /** One line of the installation checklist. */
  datatype ChecklistItem = ChecklistItem(component: string, installed: bool)

  /** The six checklist components, in display order. */
  function Components(m: PlateMaterial): (names: seq<string>)
    ensures |names| == 6
    ensures forall i, j :: 0 <= i < j < |names| ==> names[i] != names[j]
  {
    ["Earthing Plate", StripType(m) + " Strip", "Filling Material",
     "Moisture Control", "Chemical Compound", "Inspection Chamber"]
  }

  /** The installation checklist: every component of Components(m), paired
      with whether the pit type uses it. */
  function Checklist(p: PitType, m: PlateMaterial): (c: seq<ChecklistItem>)
    ensures |c| == |Components(m)|
    ensures forall i :: 0 <= i < |c| ==> c[i].component == Components(m)[i]
  {
    var names := Components(m);
    [ChecklistItem(names[0], true),
     ChecklistItem(names[1], true),
     ChecklistItem(names[2], true),
     ChecklistItem(names[3], p != MaintenanceFree),
     ChecklistItem(names[4], p == Chemical),
     ChecklistItem(names[5], true)]
  }

  /** The checklist marks component `name` as installed. */
  predicate IsInstalled(c: seq<ChecklistItem>, name: string)
  {
    exists i :: 0 <= i < |c| && c[i].component == name && c[i].installed
  }

  /** Moisture control is installed exactly when the pit is not
      maintenance-free, the chemical compound exactly when it is a chemical
      pit, and the other four components always. */
  lemma ChecklistInstalled(p: PitType, m: PlateMaterial)
    ensures IsInstalled(Checklist(p, m), "Moisture Control") <==> p != MaintenanceFree
    ensures IsInstalled(Checklist(p, m), "Chemical Compound") <==> p == Chemical
    ensures IsInstalled(Checklist(p, m), "Earthing Plate")
    ensures IsInstalled(Checklist(p, m), StripType(m) + " Strip")
    ensures IsInstalled(Checklist(p, m), "Filling Material")
    ensures IsInstalled(Checklist(p, m), "Inspection Chamber")
  {
    var c, names := Checklist(p, m), Components(m);
    assert c[0].component == "Earthing Plate" && c[0].installed;
    assert c[1].component == StripType(m) + " Strip" && c[1].installed;
    assert c[2].component == "Filling Material" && c[2].installed;
    assert c[5].component == "Inspection Chamber" && c[5].installed;
    assert c[3].component == "Moisture Control" && c[4].component == "Chemical Compound";
    forall i | 0 <= i < |c| && c[i].component == "Moisture Control"
      ensures i == 3
    {
      assert names[i] == names[3];
    }
    forall i | 0 <= i < |c| && c[i].component == "Chemical Compound"
      ensures i == 4
    {
      assert names[i] == names[4];
    }
  }

  /** The weather-impact table: (season, impact) in display order. */
  function WeatherImpact(p: PitType): (w: seq<(string, string)>)
    ensures |w| == 4
  {
    [("Rainy Season", "Optimal performance, natural moisture maintenance"),
     ("Summer", if p == Regular then "May require additional watering" else "Stable performance"),
     ("Winter", "Slightly increased resistance due to lower ground temperature"),
     ("Monsoon", "Enhanced performance, monitor for flooding")]
  }

  /** The value of the first entry with the given key, as a dictionary
      lookup on an ordered list of entries with distinct keys. */
  function Lookup(entries: seq<(string, string)>, key: string): (v: Option<string>)
    ensures v.None? <==> forall i :: 0 <= i < |entries| ==> entries[i].0 != key
    ensures v.Some? ==> exists i :: 0 <= i < |entries| && entries[i] == (key, v.value)
  {
    if entries == [] then None
    else if entries[0].0 == key then Some(entries[0].1)
    else
      var rest := Lookup(entries[1..], key);
      assert rest.Some? ==> exists i :: 0 <= i < |entries| && entries[i] == (key, rest.value) by {
        if rest.Some? {
          var i :| 0 <= i < |entries[1..]| && entries[1..][i] == (key, rest.value);
          assert entries[i + 1] == (key, rest.value);
        }
      }
      rest
  }

  /** The summer entry warns about watering exactly for a regular pit and
      reports stable performance otherwise. */
  lemma SummerImpact(p: PitType)
    ensures Lookup(WeatherImpact(p), "Summer") == Some("May require additional watering") <==> p == Regular
    ensures Lookup(WeatherImpact(p), "Summer") == Some("Stable performance") <==> p != Regular
  {
    assert WeatherImpact(p)[0].0 != "Summer";
  }

  /** Every pit type gets the same four seasons in the same order, and every
      season other than summer gets the same text. */
  lemma WeatherOnlySummerVaries(p: PitType, q: PitType, season: string)
    requires season != "Summer"
    ensures Lookup(WeatherImpact(p), season) == Lookup(WeatherImpact(q), season)
    ensures forall i :: 0 <= i < 4 ==> WeatherImpact(p)[i].0 == WeatherImpact(q)[i].0
  {
  }
}
