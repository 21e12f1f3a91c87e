/** The dog profile record (types.ts, repeated in screens/RegistrationScreen.tsx). */
module Profile {

  datatype Gender = Male | Female

  /** `birthday` is a `Date` in the source; here it is an opaque string
      (a rendering of the date chosen, or of the clock when the form opened). */
  datatype DogProfile = DogProfile(
    name: string,
    breed: string,
    age: string,
    gender: Gender,
    weight: string,
    birthday: string,
    personality: seq<string>,
    favoriteActivity: string,
    favoriteTreat: string,
    hasAllergies: bool,
    allergies: string,
    photos: seq<string>)
}
