/** The persisted records: a user and the user's weather preference. */
module Models {
  import opened Wrappers

  type UserId = nat

  /** A user's weather preference row: where to ask for the forecast and
      the optional thresholds a day must meet. */
  datatype Preference = Preference(
    location: Option<string>,
    tempMin: Option<real>,
    tempMax: Option<real>,
    maxCloudiness: Option<real>,
    maxWindSpeed: Option<real>,
    maxRainVolume: Option<real>,
    maxSnowVolume: Option<real>)

  /** The preference a newly created user starts with: every column unset. */
  const Unset := Preference(None, None, None, None, None, None, None)

  /** A user row; the password is stored only as its hash. */
  datatype UserRecord = UserRecord(userName: string, passwordHash: string)

  /** An HTTP error response: status code and detail message. */
  datatype HttpError = HttpError(status: int, detail: string)
}
