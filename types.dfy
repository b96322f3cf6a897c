/** The shared record and enumeration types of the app (types.ts), plus an
    Option type standing for TypeScript's `T | null` and `T | undefined`. */
module Types {

  datatype Option<+T> = None | Some(value: T)

  /** The three values of `UserPreferences.ornamentShape`. */
  datatype Shape = Circle | Star | Gingerbread

  /** The preference record the quiz fills in, one field per question. The colour
      is a Tailwind class name such as "bg-blue-600", kept as a string as in the source. */
  datatype UserPreferences = UserPreferences(
    favoriteActivity: string,
    favoriteFlavor: string,
    holidayVibe: string,
    wish: string,
    ornamentShape: Shape,
    ornamentColor: string)

  /** The four screens of the app, `AppStage` in types.ts. */
  datatype AppStage = Start | Quiz | Growing | Tree
}
