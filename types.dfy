/** The sighting record and the summary shown above the map (app/types/sighting.ts). */
module SightingTypes {

  datatype Option<+T> = None | Some(value: T)

  /** A CSV cell after dynamic typing: null/undefined, a number, or text left as a string. */
  datatype Cell = Empty | Number(v: real) | Text(t: string)

  /** JavaScript truthiness of a cell: null, 0 and the empty string are falsy. */
  predicate Truthy(c: Cell) {
    match c
    case Empty => false
    case Number(v) => v != 0.0
    case Text(t) => t != ""
  }

  /** One sighting row. `dateMs` is what `new Date(date).getTime()` gives for the row's date. */
  datatype Sighting = Sighting(
    date: string,
    dateMs: int,
    latitude: Cell,
    longitude: Cell,
    city: string,
    state: string,
    notes: string,
    timeOfDay: string,
    tag: string,
    imageLink: string)

  datatype Stats = Stats(
    totalSightings: nat,
    mostRecentDate: string,
    mostRecentDaysAgo: int,
    mostGhostlyCity: string,
    mostGhostlyCityState: string)
}
