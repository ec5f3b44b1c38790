/** Shared record shapes of the site (types.ts) and an optional-value wrapper
    standing in for TypeScript's `T | null` and optional properties `p?: T`. */
module Types {

  datatype Option<T> = None | Some(value: T)

  /** A release in the track list; `audioSrc` is optional. */
  datatype Track = Track(id: string, title: string, album: string, duration: string,
                         audioSrc: Option<string>)

  /** A card in the selected-works grid. */
  datatype Project = Project(id: string, title: string, category: string, year: string,
                             image: string, description: string)

  /** The structured reply of the concept generator; the last two fields are optional. */
  datatype SonicConcept = SonicConcept(title: string, texture: string, instruments: seq<string>,
                                       poeticBrief: string, synthSettings: Option<string>,
                                       visualHex: Option<string>)

  /** JavaScript truthiness of an optional string: `null`, `undefined` and `""` are all falsy. */
  predicate Truthy(s: Option<string>) {
    s.Some? && s.value != ""
  }
}
