/** The custom-plant form: its text fields, the coupled temperature and
    humidity ranges, the growth-duration number field, the schedule list and
    the save guard. */
module AddCustomPlant {
  import opened Strings
  import opened Entities
  import NumberInput
  import Schedules

  /** The choices of the category drop-down. */
  const Categories: seq<string> := ["Fruits", "Vegetables", "Herbs"]

  const GrowthMin: int := 1
  const GrowthMax: int := 365

  /** `Float.toInt()` for a slider value: truncation toward zero. */
  function Truncate(x: real): (r: int)
    ensures 0.0 <= x ==> r as real <= x < r as real + 1.0
    ensures x < 0.0 ==> r as real - 1.0 < x <= r as real
  {
    if x >= 0.0 then x.Floor else -((-x).Floor)
  }

  /** The save action: a new plant, with no species, when both the name and
      the category are filled in; nothing otherwise. */
  function PlantToSave(name: string, category: string, status: string, water: string): (r: Option<PlantItem>)
    ensures r.Some? <==> !IsBlank(name) && !IsBlank(category)
    ensures r.Some? ==> r.value == PlantItem(name, "", status, water)
  {
    if !IsBlank(name) && !IsBlank(category) then Some(PlantItem(name, "", status, water)) else None
  }

  /** A name with a visible character is accepted, however much space
      surrounds it; a name of spaces alone is not. */
  lemma SaveNeedsVisibleName(name: string, category: string, status: string, water: string, i: nat)
    requires i < |name| && !IsWhitespace(name[i]) && !IsBlank(category)
    ensures PlantToSave(name, category, status, water) == Some(PlantItem(name, "", status, water))
    ensures PlantToSave("   ", category, status, water) == None
  {
    NotBlankWhenVisible(name, i);
  }

  class CustomPlantForm {
    var plantName: string
    var plantCategory: string
    var plantStatus: string
    var waterAmount: string
    var tempMin: real
    var tempMax: real
    var humidityMin: int
    var humidityMax: int
    var growthDuration: string
    const schedules: Schedules.ScheduleEditor

    /** The ranges are ordered, and the growth duration is empty or a whole
        number of days from 1 to 365. */
    ghost predicate Valid()
      reads this
    {
      tempMin <= tempMax && humidityMin <= humidityMax &&
      NumberInput.Holds(growthDuration, GrowthMin, GrowthMax)
    }

    constructor()
      ensures Valid()
      ensures plantName == "" && plantCategory == "" && plantStatus == "Growing" && waterAmount == "150ml"
      ensures tempMin == 20.0 && tempMax == 25.0 && humidityMin == 50 && humidityMax == 70
      ensures growthDuration == "70"
      ensures fresh(schedules)
      ensures schedules.schedules == [WateringSchedule("08:00", "1.8"), WateringSchedule("18:00", "1.2")]
      ensures !schedules.showAddDialog && schedules.showEditDialog == None
    {
      plantName := "";
      plantCategory := "";
      plantStatus := "Growing";
      waterAmount := "150ml";
      tempMin := 20.0;
      tempMax := 25.0;
      humidityMin := 50;
      humidityMax := 70;
      growthDuration := "70";
      schedules := new Schedules.ScheduleEditor([WateringSchedule("08:00", "1.8"), WateringSchedule("18:00", "1.2")]);
      new;
      assert ParseInt("70") == Some(70) by {
        ParseIntOfDecimal(70);
        assert IntToDecimal(70) == "70";
      }
    }

    method TypeName(name: string)
      modifies this
      ensures plantName == name
      ensures plantCategory == old(plantCategory) && growthDuration == old(growthDuration)
      ensures tempMin == old(tempMin) && tempMax == old(tempMax)
      ensures humidityMin == old(humidityMin) && humidityMax == old(humidityMax)
      ensures plantStatus == old(plantStatus) && waterAmount == old(waterAmount)
      ensures old(Valid()) ==> Valid()
    {
      plantName := name;
    }

    method SelectCategory(i: nat)
      requires i < |Categories|
      modifies this
      ensures plantCategory == Categories[i]
      ensures plantName == old(plantName) && growthDuration == old(growthDuration)
      ensures tempMin == old(tempMin) && tempMax == old(tempMax)
      ensures humidityMin == old(humidityMin) && humidityMax == old(humidityMax)
      ensures plantStatus == old(plantStatus) && waterAmount == old(waterAmount)
      ensures old(Valid()) ==> Valid()
    {
      plantCategory := Categories[i];
    }

    /** The minimum-temperature slider; a minimum above the maximum pushes the
        maximum to 5 degrees above it. */
    method SetTempMin(v: real)
      modifies this
      ensures tempMin == v
      ensures tempMax == if v > old(tempMax) then v + 5.0 else old(tempMax)
      ensures tempMin <= tempMax
      ensures humidityMin == old(humidityMin) && humidityMax == old(humidityMax)
      ensures growthDuration == old(growthDuration)
      ensures plantName == old(plantName) && plantCategory == old(plantCategory)
      ensures plantStatus == old(plantStatus) && waterAmount == old(waterAmount)
      ensures old(Valid()) ==> Valid()
    {
      tempMin := v;
      if tempMin > tempMax {
        tempMax := tempMin + 5.0;
      }
    }

    /** The maximum-temperature slider; a maximum below the minimum pulls the
        minimum to 5 degrees below it. */
    method SetTempMax(v: real)
      modifies this
      ensures tempMax == v
      ensures tempMin == if v < old(tempMin) then v - 5.0 else old(tempMin)
      ensures tempMin <= tempMax
      ensures humidityMin == old(humidityMin) && humidityMax == old(humidityMax)
      ensures growthDuration == old(growthDuration)
      ensures plantName == old(plantName) && plantCategory == old(plantCategory)
      ensures plantStatus == old(plantStatus) && waterAmount == old(waterAmount)
      ensures old(Valid()) ==> Valid()
    {
      tempMax := v;
      if tempMax < tempMin {
        tempMin := tempMax - 5.0;
      }
    }

    /** The minimum-humidity slider (0 to 100): the whole part of its value;
        a minimum above the maximum pushes the maximum to 10 above it. */
    method SetHumidityMin(v: real)
      requires 0.0 <= v <= 100.0
      modifies this
      ensures humidityMin == Truncate(v)
      ensures humidityMax == if Truncate(v) > old(humidityMax) then Truncate(v) + 10 else old(humidityMax)
      ensures humidityMin <= humidityMax
      ensures tempMin == old(tempMin) && tempMax == old(tempMax)
      ensures growthDuration == old(growthDuration)
      ensures plantName == old(plantName) && plantCategory == old(plantCategory)
      ensures plantStatus == old(plantStatus) && waterAmount == old(waterAmount)
      ensures old(Valid()) ==> Valid()
    {
      humidityMin := Truncate(v);
      if humidityMin > humidityMax {
        humidityMax := humidityMin + 10;
      }
    }

    /** The maximum-humidity slider: the whole part of its value; a maximum
        below the minimum pulls the minimum to 10 below it. */
    method SetHumidityMax(v: real)
      requires 0.0 <= v <= 100.0
      modifies this
      ensures humidityMax == Truncate(v)
      ensures humidityMin == if Truncate(v) < old(humidityMin) then Truncate(v) - 10 else old(humidityMin)
      ensures humidityMin <= humidityMax
      ensures tempMin == old(tempMin) && tempMax == old(tempMax)
      ensures growthDuration == old(growthDuration)
      ensures plantName == old(plantName) && plantCategory == old(plantCategory)
      ensures plantStatus == old(plantStatus) && waterAmount == old(waterAmount)
      ensures old(Valid()) ==> Valid()
    {
      humidityMax := Truncate(v);
      if humidityMax < humidityMin {
        humidityMin := humidityMax - 10;
      }
    }

    /** The growth-duration number field, 1 to 365 days. */
    method EditGrowthDuration(t: string)
      modifies this
      ensures old(Valid()) ==> Valid()
      ensures growthDuration == NumberInput.Update(old(growthDuration), t, GrowthMin, GrowthMax)
      ensures tempMin == old(tempMin) && tempMax == old(tempMax)
      ensures humidityMin == old(humidityMin) && humidityMax == old(humidityMax)
      ensures plantName == old(plantName) && plantCategory == old(plantCategory)
      ensures plantStatus == old(plantStatus) && waterAmount == old(waterAmount)
    {
      if NumberInput.Holds(growthDuration, GrowthMin, GrowthMax) {
        NumberInput.UpdateKeepsHolds(growthDuration, t, GrowthMin, GrowthMax);
      }
      growthDuration := NumberInput.Update(growthDuration, t, GrowthMin, GrowthMax);
    }

    /** The plant handed on by the save button, if the guard lets it through. */
    function Save(): (r: Option<PlantItem>)
      reads this
      ensures r.Some? <==> !IsBlank(plantName) && !IsBlank(plantCategory)
      ensures r.Some? ==> r.value.name == plantName && r.value.species == ""
    {
      PlantToSave(plantName, plantCategory, plantStatus, waterAmount)
    }
  }

  /** The maximum-humidity slider starts one above the minimum, so through the
      slider the minimum never moves. */
  lemma HumidityMaxSliderKeepsMin(humidityMin: int, v: real)
    requires (humidityMin + 1) as real <= v <= 100.0
    ensures !(Truncate(v) < humidityMin)
  {
  }
}
