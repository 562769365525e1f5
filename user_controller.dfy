/** The user controller: creating users, validating and storing a user's
    weather preference, and deciding the outcome of the best-day request.
    The database session is a store of three maps (users by id, ids by
    user name, preferences by user id); each HTTP error is a `Failure`. */
module UserController {
  import opened Wrappers
  import opened Models
  import opened Text
  import opened Forecast

  const UserNotFound := HttpError(404, "User is not found")
  const InvalidLocation := HttpError(422, "Invalid location value")
  const InvalidTempMin := HttpError(422, "Invalid temperature min value")
  const InvalidMaxCloudiness := HttpError(422, "Invalid max cloudiness value")
  const InvalidMaxWindSpeed := HttpError(422, "Invalid max wind speed value")
  const InvalidMaxRainVolume := HttpError(422, "Invalid max rain volume value")
  const InvalidMaxSnowVolume := HttpError(422, "Invalid max snow volume value")
  const UserNameExists := HttpError(422, "User name already exists")
  const PasswordMismatch := HttpError(422, "Confirm Password doesn't match")
  const InternalError := HttpError(500, "An error occured")
  const LocationNotSet := HttpError(422, "Location is not set")
  const NoBestDay := HttpError(404, "No best day")

  const PreferenceUpdated := "User preference updated"

  /** One guard of a validation chain: whether it fails, and the error it
      raises then. */
  datatype Guard = Guard(fails: bool, error: HttpError)

  /** The error of the first failing guard, if any: a chain of guards that
      each raise and stop the request. */
  function FirstFailure(gs: seq<Guard>): (r: Option<HttpError>)
    ensures r.None? <==> forall i :: 0 <= i < |gs| ==> !gs[i].fails
    ensures r.Some? ==>
      exists i :: 0 <= i < |gs| && gs[i].fails && gs[i].error == r.value
        && forall k :: 0 <= k < i ==> !gs[k].fails
  {
    if gs == [] then None
    else if gs[0].fails then Some(gs[0].error)
    else
      var r := FirstFailure(gs[1..]);
      assert forall i :: 0 <= i < |gs[1..]| ==> gs[1..][i] == gs[i + 1];
      r
  }

  /** A set threshold below zero. */
  predicate Negative(limit: Option<real>) {
    limit.Some? && limit.value < 0.0
  }

  /** The location as stored: surrounding whitespace stripped, `None` kept. */
  function NormalizedLocation(location: Option<string>): (r: Option<string>)
    ensures r.None? <==> location.None?
    ensures r.Some? ==> Strip(r.value) == r.value
    ensures r.Some? ==> SpaceTrimmed(location.value, r.value)
    ensures r.Some? ==> (r.value == [] <==> AllSpace(location.value))
  {
    if location.None? then None
    else
      StripIdempotent(location.value);
      Some(Strip(location.value))
  }

  /** The checks of a preference update in the order they run: unknown
      user, empty location, inverted temperature bounds, then a negative
      cloudiness, wind, rain and snow limit. */
  function PreferenceGuards(userKnown: bool, data: Preference): seq<Guard> {
    var location := NormalizedLocation(data.location);
    [ Guard(!userKnown, UserNotFound),
      Guard(location.Some? && location.value == [], InvalidLocation),
      Guard(data.tempMin.Some? && data.tempMax.Some? && data.tempMin.value > data.tempMax.value,
            InvalidTempMin),
      Guard(Negative(data.maxCloudiness), InvalidMaxCloudiness),
      Guard(Negative(data.maxWindSpeed), InvalidMaxWindSpeed),
      Guard(Negative(data.maxRainVolume), InvalidMaxRainVolume),
      Guard(Negative(data.maxSnowVolume), InvalidMaxSnowVolume) ]
  }

  /** A preference the update could have stored: a stripped, non-empty
      location (or none), ordered temperature bounds, no negative limit. */
  predicate WellFormed(p: Preference) {
    && (p.location.None? || (p.location.value != [] && Strip(p.location.value) == p.location.value))
    && (p.tempMin.Some? && p.tempMax.Some? ==> p.tempMin.value <= p.tempMax.value)
    && !Negative(p.maxCloudiness) && !Negative(p.maxWindSpeed)
    && !Negative(p.maxRainVolume) && !Negative(p.maxSnowVolume)
  }

  /** The guard chain of the preference update. It fails with the error of
      the first failing check; otherwise the value to store is the submitted
      preference with its location stripped, and it is well formed. */
  function CheckPreferenceUpdate(userKnown: bool, data: Preference): (r: Result<Preference, HttpError>)
    ensures r.Success? ==> r.value == data.(location := NormalizedLocation(data.location))
    ensures r.Success? ==> WellFormed(r.value)
    ensures !userKnown ==> r == Failure(UserNotFound)
    ensures userKnown && data.location.Some? ==>
      (r == Failure(InvalidLocation) <==> AllSpace(data.location.value))
  {
    if !userKnown then Failure(UserNotFound)
    else
      var location := NormalizedLocation(data.location);
      if location.Some? && location.value == [] then Failure(InvalidLocation)
      else if data.tempMin.Some? && data.tempMax.Some? && data.tempMin.value > data.tempMax.value then
        Failure(InvalidTempMin)
      else if Negative(data.maxCloudiness) then Failure(InvalidMaxCloudiness)
      else if Negative(data.maxWindSpeed) then Failure(InvalidMaxWindSpeed)
      else if Negative(data.maxRainVolume) then Failure(InvalidMaxRainVolume)
      else if Negative(data.maxSnowVolume) then Failure(InvalidMaxSnowVolume)
      else Success(data.(location := location))
  }

  /** Unfolds one step of the chain at position i. */
  lemma FirstFailureAt(gs: seq<Guard>, i: nat)
    requires i < |gs|
    ensures FirstFailure(gs[i..]) == if gs[i].fails then Some(gs[i].error) else FirstFailure(gs[i + 1..])
  {
    assert gs[i..][1..] == gs[i + 1..];
  }

  /** The preference update fails exactly when one of its guards fails, and
      then with the error of the first failing guard in the chain. */
  lemma {:induction false} PreferenceGuardChain(userKnown: bool, data: Preference)
    ensures var e := FirstFailure(PreferenceGuards(userKnown, data));
      CheckPreferenceUpdate(userKnown, data) == if e.Some? then Failure(e.value)
        else Success(data.(location := NormalizedLocation(data.location)))
  {
    var gs := PreferenceGuards(userKnown, data);
    FirstFailureAt(gs, 6);
    FirstFailureAt(gs, 5);
    FirstFailureAt(gs, 4);
    FirstFailureAt(gs, 3);
    FirstFailureAt(gs, 2);
    FirstFailureAt(gs, 1);
    FirstFailureAt(gs, 0);
    assert gs[0..] == gs;
  }

  /** A well-formed preference passes the update unchanged. */
  lemma WellFormedAccepted(p: Preference)
    requires WellFormed(p)
    ensures CheckPreferenceUpdate(true, p) == Success(p)
  {
    StrippedLocationKept(p.location);
    assert !(p.location.Some? && p.location.value == []);
  }

  /** A location that is already stripped is stored as it is. */
  lemma StrippedLocationKept(location: Option<string>)
    requires location.None? || Strip(location.value) == location.value
    ensures NormalizedLocation(location) == location
  {
  }

  /** Submitting the stored preference again stores the same preference. */
  lemma UpdateIdempotent(data: Preference)
    requires CheckPreferenceUpdate(true, data).Success?
    ensures var v := CheckPreferenceUpdate(true, data).value;
      CheckPreferenceUpdate(true, v) == Success(v)
  {
    WellFormedAccepted(CheckPreferenceUpdate(true, data).value);
  }

  /** The checks of user creation in the order they run: a taken user name,
      then a confirmation that differs from the password. */
  function CreateUserGuards(nameTaken: bool, password: string, confirmPassword: string): seq<Guard> {
    [ Guard(nameTaken, UserNameExists),
      Guard(password != confirmPassword, PasswordMismatch) ]
  }

  /** The error user creation raises, if any: the taken name wins over the
      mismatched confirmation. */
  function CreateUserError(nameTaken: bool, password: string, confirmPassword: string): (r: Option<HttpError>)
    ensures r == FirstFailure(CreateUserGuards(nameTaken, password, confirmPassword))
    ensures nameTaken ==> r == Some(UserNameExists)
    ensures !nameTaken ==> (r.None? <==> password == confirmPassword)
  {
    if nameTaken then Some(UserNameExists)
    else if password != confirmPassword then Some(PasswordMismatch)
    else None
  }

  /** The user and preference tables. `idByName` is the unique index on the
      user name. */
  class UserStore {
    var users: map<UserId, UserRecord>
    var idByName: map<string, UserId>
    var preferences: map<UserId, Preference>

    /** The name index agrees with the user table, every preference belongs
        to a user, and every stored preference is well formed. */
    ghost predicate Valid()
      reads this
    {
      && (forall n :: n in idByName ==> idByName[n] in users && users[idByName[n]].userName == n)
      && (forall id :: id in users ==> users[id].userName in idByName && idByName[users[id].userName] == id)
      && preferences.Keys <= users.Keys
      && (forall id :: id in preferences ==> WellFormed(preferences[id]))
    }

    /** Some user row has this name. */
    ghost predicate NameTaken(name: string)
      reads this
    {
      exists id :: id in users && users[id].userName == name
    }

    constructor ()
      ensures Valid()
      ensures users == map[] && idByName == map[] && preferences == map[]
    {
      users := map[];
      idByName := map[];
      preferences := map[];
    }

    /** Creates a user with the given (fresh) id and password hash and an
        all-unset preference, unless the name is taken or the confirmation
        differs; on an error nothing changes. */
    method CreateUser(userName: string, password: string, confirmPassword: string,
                      passwordHash: string, newId: UserId)
      returns (r: Result<UserId, HttpError>)
      requires Valid()
      requires newId !in users
      modifies this
      ensures Valid()
      ensures var e := CreateUserError(old(NameTaken(userName)), password, confirmPassword);
        if e.Some? then
          && r == Failure(e.value)
          && users == old(users) && idByName == old(idByName) && preferences == old(preferences)
        else
          && r == Success(newId)
          && users == old(users)[newId := UserRecord(userName, passwordHash)]
          && idByName == old(idByName)[userName := newId]
          && preferences == old(preferences)[newId := Unset]
    {
      if userName in idByName {
        assert users[idByName[userName]].userName == userName;
        return Failure(UserNameExists);
      }
      if password != confirmPassword {
        return Failure(PasswordMismatch);
      }
      users := users[newId := UserRecord(userName, passwordHash)];
      idByName := idByName[userName := newId];
      preferences := preferences[newId := Unset];
      r := Success(newId);
    }

    /** Validates the submitted preference and, when it passes, stores it
        for the user: an existing row is overwritten, otherwise one is
        inserted. Either way the user's preference becomes exactly the
        accepted value and no other user's preference changes. */
    method UpdateUserPreference(userId: UserId, data: Preference) returns (r: Result<string, HttpError>)
      requires Valid()
      modifies this
      ensures Valid()
      ensures users == old(users) && idByName == old(idByName)
      ensures match CheckPreferenceUpdate(userId in old(users), data)
        case Success(v) => r == Success(PreferenceUpdated) && preferences == old(preferences)[userId := v]
        case Failure(e) => r == Failure(e) && preferences == old(preferences)
    {
      var checked := CheckPreferenceUpdate(userId in users, data);
      if checked.Failure? {
        return Failure(checked.error);
      }
      var accepted := checked.value;
      if userId in preferences {
        preferences := preferences[userId := accepted];
      } else {
        preferences := preferences + map[userId := accepted];
      }
      r := Success(PreferenceUpdated);
    }

    /** The best-day request for a user, given the forecast for the user's
        location: unknown user, then missing preference, then unset
        location, then no valid day; otherwise the engine's day. */
    method GetUserForecastBestDay(userId: UserId, weathers: seq<Weather>) returns (r: Result<Date, HttpError>)
      ensures userId !in users ==> r == Failure(UserNotFound)
      ensures userId in users && userId !in preferences ==> r == Failure(InternalError)
      ensures userId in users && userId in preferences && preferences[userId].location.None? ==>
        r == Failure(LocationNotSet)
      ensures userId in users && userId in preferences && preferences[userId].location.Some? ==>
        match BestDay(weathers, preferences[userId])
          case None => r == Failure(NoBestDay)
          case Some(d) => r == Success(d)
    {
      if userId !in users {
        return Failure(UserNotFound);
      }
      if userId !in preferences {
        return Failure(InternalError);
      }
      var preference := preferences[userId];
      if preference.location.None? {
        return Failure(LocationNotSet);
      }
      var bestDay := ForecastBestDay(weathers, preference);
      if bestDay.None? {
        return Failure(NoBestDay);
      }
      r := Success(bestDay.value);
    }
  }
}
