/** The plain records the screens pass around. */
module Entities {

  /** One daily watering: a time of day and an amount, both kept as text. */
  datatype WateringSchedule = WateringSchedule(time: string, amount: string)

  /** A plant being tended in the field, as handed to the detail screen. */
  datatype ScheduledTask = ScheduledTask(
    plantName: string,
    plantId: string,
    days: int,
    waterPerDay: string,
    wateringSchedules: seq<WateringSchedule>)

  /** A plant as listed in a category and as produced by the custom-plant form. */
  datatype PlantItem = PlantItem(name: string, species: string, status: string, waterAmount: string)
}
