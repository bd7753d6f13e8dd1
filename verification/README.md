# Ride-hailing backend core in Dafny

This project models three services of a ride-hailing backend, together with the properties they promise.

- **Rides service.** It prices a trip from tiered fare settings. It books rides and changes their status.
- **Drivers service.** It normalises phone numbers and registers drivers: user row, driver profile and onboarding documents. It also switches drivers on- and offline and upserts documents.
- **Auth service.** It decides whether an OTP login is accepted, then logs the user in, creating them on first login.

Layout:

- `wrappers.dfy`: `Option` and `Result`.
- `text.dfy` (module `Text`): the JavaScript string methods the services call. These are `toLowerCase` on ASCII, `replace`, the non-digit filter, `slice(-n)`, `split` and `join`.
- `fare.dfy` (module `Fare`): the fare computation as functions, with its properties as lemmas. It covers:
  - the active-setting lookup;
  - the stable sort of the tiers by `km_from`;
  - the tier walk and the leftover distance;
  - the minimum-fare floor, the surge and `toFixed(2)`;
  - the NaN error.
- `fare_engine.dfy` (module `FareEngine`): `calculateFare` as the method it is.
  - It sorts the tiers in place in an array.
  - It walks them in a loop that breaks once no distance remains.
  - It is proved equal to `Fare.Fare`.
- `rides.dfy` (module `Rides`): the ride record, vehicle-type normalisation and the status graph the rides are meant to follow.
  - `RideStore` holds the ride table as a map.
  - It keeps a ghost log of every save and every notification sent to the dispatcher.
- `users.dfy` (module `Users`): the user table, a sequence searched by phone number.
- `drivers.dfy` (module `Drivers`): the pure rules of driver onboarding, and the class `DriversService` that holds the user, driver and document tables.
- `auth.dfy` (module `Auth`): the `sendOtp` and `verifyOtp` decision tables, and the class `AuthService` with the get-or-create login.

Inputs from the outside world are parameters:

- the SMS gateway's JSON answer (`None` when the call or the parsing fails);
- the environment variables;
- the ids the database generates.

Where the code departs from the intended behaviour, the model follows the code:

- Tiers bill by width, not by position. The walk bills each tier up to its width, wherever the tier lies, so a gap between tiers shifts later kilometres onto the next tier's rate. `Fare.GapBilledByWidth` shows a 12 km trip over `[0, 5) @ 8` and `[10, 15) @ 6` billing 70 in tiers, where band pricing gives 52.
- Status writes are not guarded by any transition graph. `Rides.IntendedTransition` states the graph separately, and `Rides.StatusWriteIsUnguarded` shows the service ignores it.
- `createRide` copies the client's `distance`, `duration` and `fare` into the estimates verbatim. It does not call the fare engine or convert units.
- `createRide` reads only `vehicle_type`. No field's camelCase alias is resolved, so both spellings are carried along as sent.
- The fare engine has no separate configuration error. An unreadable setting column surfaces as the one non-numeric-fare error whenever the fare uses it. An unreadable `per_km_rate` does no harm when the tiers cover the whole trip.

## Model

| member | source | states |
|---|---|---|
| Fare.FindActive | src/rides/rides.service.ts:27-36 | The setting found is an active setting for the vehicle type. None is found exactly when no such setting exists. |
| Fare.InsertTierPermutation | src/rides/rides.service.ts:48-51 | Inserting a tier adds exactly that tier to the multiset of tiers. |
| Fare.InsertTierKeepsSorted | src/rides/rides.service.ts:48-51 | Inserting a tier into a list sorted by `km_from` gives a sorted list. |
| Fare.SortTiersSortedPermutation | src/rides/rides.service.ts:48-51 | The sorted tiers are ascending by `km_from` and are a permutation of the stored tiers. |
| Fare.SortTiersStable | src/rides/rides.service.ts:48-51 | The sort is stable: for every `km_from`, the tiers starting there appear in the same order as stored. |
| Fare.WalkConservesDistance | src/rides/rides.service.ts:53-70 | km billed in tiers plus the leftover equals the distance. For a non-negative distance, both parts are non-negative and the leftover never goes negative. A non-positive distance bills nothing. |
| Fare.WalkBillsBands | src/rides/rides.service.ts:53-75 | For tiers that tile `[start, end)`, the walk bills each band's overlap with the trip at that band's rate. Distance is left over exactly when the trip goes past the last band, and the leftover is the excess. |
| Fare.WalkFromZeroBillsBands | src/rides/rides.service.ts:53-75 | For tiers that tile the distance from 0 km: the walk bills each band's overlap at its rate. Distance is left over exactly when the trip passes the last band, and the leftover is the excess. |
| Fare.EndOfAtLeastStart | src/rides/rides.service.ts:53-70 | Contiguous tiers end no earlier than they start. |
| Fare.BandCostBeforeStart | src/rides/rides.service.ts:53-70 | A trip that ends before the first band bills nothing in tiers. |
| Fare.DistanceCost | src/rides/rides.service.ts:45-75 | The distance cost is NaN (None) exactly when the base per-km rate is NaN and distance is left over after the tiers. |
| Fare.NoTiersBillsWholeDistance | src/rides/rides.service.ts:73-75 | With no tiers, the whole positive distance is billed at the base per-km rate. |
| Fare.PreSurgeFare | src/rides/rides.service.ts:77-81 | The pre-surge fare is a number exactly when the base fare, the per-minute rate, the minimum fare and the distance cost all are. |
| Fare.PreSurgeFloorsAtMinimum | src/rides/rides.service.ts:77-81 | The pre-surge fare is never below the minimum fare. It equals the minimum when the itemised cost is at most the minimum, and the itemised cost when that is at least the minimum. |
| Fare.HalfUpCents | src/rides/rides.service.ts:97 | For a non-negative value: a whole number of cents, above the value minus half a cent and at most the value plus half a cent, so an exact half cent rounds up. A value already in cents is unchanged. |
| Fare.Round2 | src/rides/rides.service.ts:97 | `toFixed(2)`: a whole number of cents within half a cent of the input. An exact half cent goes away from zero: up for a non-negative input, down for a negative one. It keeps the sign of a non-negative input and leaves a cent value unchanged. |
| Fare.HalfCentRoundsAway | src/rides/rides.service.ts:97 | 0.125 rounds to 0.13 and -0.125 to -0.13. |
| Fare.Round2Monotone | src/rides/rides.service.ts:97 | Rounding to cents never reverses an order. |
| Fare.FareFor | src/rides/rides.service.ts:39-97 | The only failure is the non-numeric-fare error. A fare is returned exactly when base, per-minute, minimum and surge are numbers, and either the per-km rate is a number or the tiers cover the whole distance. |
| Fare.FareForRoundsSurgedFare | src/rides/rides.service.ts:83-97 | A returned fare is a whole number of cents within half a cent of the pre-surge fare times the surge multiplier. An exact half cent goes away from zero. |
| Fare.Fare | src/rides/rides.service.ts:19-98 | NotFound is returned exactly when no active setting exists for the vehicle type. Any other failure is the NaN error. |
| Fare.WorkedExample | src/rides/rides.service.ts:19-98 | Tiers `[0,5)@8` and `[5,10)@6` stored out of order, base 20, 10/km, 2/min, minimum 30, 7000 m, 600 s: fare 92.00. At surge 1.5: 138.00. |
| Fare.GapBilledByWidth | src/rides/rides.service.ts:53-70 | Tiers `[0, 5) @ 8` and `[10, 15) @ 6` on a 12 km trip: 10 km billed for 70 in tiers with 2 km left over, while band pricing gives 52. |
| Fare.TotalDistanceCostNonNegative | src/rides/rides.service.ts:53-75 | With non-negative rates, the distance cost is non-negative. |
| Fare.TotalDistanceCostMonotone | src/rides/rides.service.ts:53-75 | With non-negative rates, a longer trip never costs less in distance. |
| Fare.RatesNonNegativeSorted | src/rides/rides.service.ts:48-51 | Sorting keeps every tier rate non-negative. |
| Fare.DistanceCostKnownRate | src/rides/rides.service.ts:45-75 | With a numeric per-km rate the distance cost is always a number. It equals `TotalDistanceCost`, an equivalent single-recursion form of the walk plus leftover, used for the monotonicity lemmas. |
| Fare.PreSurgeKnownRates | src/rides/rides.service.ts:77-81 | With a numeric per-km rate, the pre-surge fare is max(base + distance cost + minutes × per-minute rate, minimum). |
| Fare.SurgedMonotone | src/rides/rides.service.ts:83-97 | For a non-negative surge, surging and rounding preserve the order of pre-surge fares. |
| Fare.PreSurgeMonotoneInDistance | src/rides/rides.service.ts:53-81 | With non-negative rates, the pre-surge fare does not decrease with distance. |
| Fare.PreSurgeMonotoneInDuration | src/rides/rides.service.ts:77-81 | With a non-negative per-minute rate, the pre-surge fare does not decrease with duration. |
| Fare.PreSurgeMonotone | src/rides/rides.service.ts:53-81 | The pre-surge fare does not decrease when both distance and duration grow. |
| Fare.FareMonotone | src/rides/rides.service.ts:39-97 | With non-negative rates and surge, a longer or slower trip never gets a lower fare. |
| FareEngine.InsertTierAt | src/rides/rides.service.ts:48-51 | Inserting a tier places it after every tier with a `km_from` at or below its own, and before the rest. |
| FareEngine.InsertLast | src/rides/rides.service.ts:48-51 | Shifting the i-th tier into the sorted prefix leaves the prefix equal to the specified insertion, and the rest of the array unchanged. |
| FareEngine.SortTiersInPlace | src/rides/rides.service.ts:48-51 | The in-place sort leaves the array equal to `SortTiers` of its old contents, so it is sorted and a permutation. |
| FareEngine.BillTiers | src/rides/rides.service.ts:45-70 | The billing loop with its early break computes the cost and the remaining distance of the specified tier walk. |
| FareEngine.WalkSortedTiers | src/rides/rides.service.ts:45-70 | Sorting the loaded tiers in place and walking them yields the cost and leftover of the specified walk over the sorted tiers. |
| FareEngine.ComputeDistanceCost | src/rides/rides.service.ts:45-75 | The computed distance cost is NaN exactly when the specified one is, and otherwise the same number. |
| FareEngine.CalculateFare | src/rides/rides.service.ts:19-98 | The imperative fare computation returns exactly `Fare.Fare` for every input, including both error cases. |
| Rides.NormalizeVehicleType | src/rides/rides.service.ts:117-121 | Same length. Each `-` becomes `_`, each upper-case letter its lower-case form, and every other character is kept in place. No upper-case letter or `-` remains. |
| Rides.NormalizeVehicleTypeIdempotent | src/rides/rides.service.ts:117-121 | Normalising twice is the same as normalising once. |
| Rides.NormalizeBikeLite | src/rides/rides.service.ts:117-118 | `Bike-lite` becomes `bike_lite`. |
| Rides.BuildRide | src/rides/rides.service.ts:119-130 | The new ride has status PENDING and no driver. Its vehicle type is the normalised request type, and the estimates are the request's distance, duration and fare. |
| Rides.WithStatus | src/rides/rides.service.ts:150 | Only the status changes. |
| Rides.IntendedPathsAreShort | src/rides/rides.service.ts:142-175 | A ride following the intended graph visits at most three statuses, and nothing follows COMPLETED or CANCELLED. |
| Rides.StatusWriteIsUnguarded | src/rides/rides.service.ts:142-155 | A completed ride can be written back to ACCEPTED, which the intended graph forbids. |
| Rides.RideStore.GetRideById | src/rides/rides.service.ts:107-112 | Returns the ride filed under the id, or None exactly when there is none. |
| Rides.RideStore.GetMyRides | src/rides/rides.service.ts:100-105 | Returns exactly the stored rides whose rider is the user. |
| Rides.RideStore.CreateRide | src/rides/rides.service.ts:114-140 | Stores the built ride under its new id. Logs one save, then exactly one PENDING notification. |
| Rides.RideStore.UpdateRideStatus | src/rides/rides.service.ts:142-155 | Unknown id: None, with no save and no notification. Otherwise only the status changes to the requested one, followed by one save and one notification. |
| Rides.RideStore.AcceptRide | src/rides/rides.service.ts:157-171 | Unknown id: None and nothing changes. Otherwise the driver is set and the status becomes ACCEPTED, followed by one save and one notification. |
| Rides.RideStore.CancelRide | src/rides/rides.service.ts:173-175 | A status update to CANCELLED, with the same unknown-id behaviour. |
| Users.IndexOfPhone | src/users/users.service.ts:16-20 | The first user with the phone number. None exactly when no user has it. |
| Users.ReplaceKeepsUnique | src/users/user.entity.ts:17-24 | Rewriting a user without changing id or phone keeps ids and phone numbers unique. |
| Users.AppendKeepsUnique | src/users/user.entity.ts:17-24 | Adding a user with a fresh id and an unused phone keeps ids and phone numbers unique. |
| Drivers.NormalizePhoneNumber | src/drivers/drivers.service.ts:151-160 | Only digits, and length min(number of digits in the input, 10). |
| Drivers.NormalizeIsLastTenDigits | src/drivers/drivers.service.ts:151-160 | In every branch the result is the last ten digits of the input, or all of them if fewer. |
| Drivers.NormalizePhoneCases | src/drivers/drivers.service.ts:151-160 | 12 digits starting with `91` give the last ten. Exactly ten digits stay unchanged. Otherwise the last ten, or all. |
| Drivers.NormalizePhoneIdempotent | src/drivers/drivers.service.ts:151-160 | Normalising twice is the same as normalising once. |
| Drivers.NameSplit | src/drivers/drivers.service.ts:199-200 | Without a space, the first name is the whole name and the last name is empty. Otherwise the first name is the text before the first space and the last name the text after it. First name, a space and last name give back the name. |
| Drivers.WithDriverRole | src/drivers/drivers.service.ts:187-189 | DRIVER is present afterwards and the old roles are kept as a prefix. The roles are unchanged when DRIVER was already there; otherwise exactly DRIVER is appended, so it is never duplicated. |
| Drivers.RegisteredUser | src/drivers/drivers.service.ts:176-191 | A new user gets the normalised phone, the name and roles `[RIDER, DRIVER]`. An existing user keeps id, phone and verification, and takes the name and the DRIVER role. |
| Drivers.RegisteredProfile | src/drivers/drivers.service.ts:193-214 | The names come from the split and the vehicle from the form. A new profile is PENDING_APPROVAL, offline and without a location. An existing profile keeps its status and everything else. |
| Drivers.WithOnlineStatus | src/drivers/drivers.service.ts:259-266 | Both online and available become the requested flag. Coordinates and the `POINT(lon lat)` location change only when a location is supplied. |
| Drivers.AddDoc | src/drivers/drivers.service.ts:218-232 | An absent or empty file list adds nothing. Otherwise one document for the first file is appended. |
| Drivers.DocumentFor | src/drivers/drivers.service.ts:218-238 | The document for a field is PENDING and belongs to the driver. It carries the first file's content, name, MIME type and size, and a number only for the licence front and back. |
| Drivers.Slot | src/drivers/drivers.service.ts:234-238 | A field yields at most one document, and yields one exactly when its list has a file. |
| Drivers.CollectDocumentsInFormOrder | src/drivers/drivers.service.ts:216-238 | The documents are the slots for profile, licence front, licence back, aadhaar and pan, in that order: at most five. |
| Drivers.CollectDocumentsFileEachFieldOnce | src/drivers/drivers.service.ts:216-238 | Each document is the one its field specifies. A document type appears exactly when its field has a file. |
| Drivers.ExpiryDate | src/drivers/drivers.service.ts:295 | An empty or missing expiry date is stored as none. Any other is stored as given. |
| Drivers.Assigned | src/drivers/drivers.service.ts:289-296 | The document object the reply returns keeps driver, type and review fields. It takes the new file, number and expiry (none when absent), and returns to PENDING. |
| Drivers.Refiled | src/drivers/drivers.service.ts:289-298 | The stored row after the save: an absent number or expiry keeps the stored value, because the save skips `undefined` columns. Every other column is as assigned. |
| Drivers.IndexOfDocument | src/drivers/drivers.service.ts:282-287 | The position of a document with this driver and type. None exactly when there is no such document. |
| Drivers.CountKeyAppend | src/drivers/drivers.service.ts:300-313 | Appending a document raises its own key's count by one and no other key's. |
| Drivers.CountKeyReplace | src/drivers/drivers.service.ts:289-298 | Rewriting a document in place keeps every key's count. |
| Drivers.UploadCounts | src/drivers/drivers.service.ts:277-315 | After an upload, the key has exactly one document if it had none and is unchanged otherwise. Every other key is unchanged. |
| Drivers.UploadKeepsOnePerKey | src/drivers/drivers.service.ts:277-315 | If every (driver, type) key had at most one document, it still has after an upload. |
| Drivers.DriversService.RegisterDriver | src/drivers/drivers.service.ts:162-250 | Saves the registered user under the normalised phone: the existing one or exactly one new one. Saves the registered profile and appends the collected documents. Replies with driver id = user id and status `pending_approval`. |
| Drivers.DriversService.SaveDriverUser | src/drivers/drivers.service.ts:174-191 | Get-or-create by normalised phone, rewriting an existing user in place. Users stay unique. |
| Drivers.DriversService.SaveDriverProfile | src/drivers/drivers.service.ts:193-214 | Stores the registered profile under the user id. |
| Drivers.DriversService.SaveFormDocuments | src/drivers/drivers.service.ts:216-242 | Appends exactly the collected documents. |
| Drivers.DriversService.UpdateDriverStatus | src/drivers/drivers.service.ts:252-270 | Unknown driver: NotFound and nothing changes. Otherwise the profile becomes `WithOnlineStatus` of itself. |
| Drivers.DriversService.UploadDocument | src/drivers/drivers.service.ts:272-316 | Unknown driver: NotFound and nothing changes. No file: the error raised reading `file.buffer`, and nothing changes. Otherwise the table is upserted. The outcome says updated, with the assigned document, exactly when the key already had a document. |
| Auth.MobileForOtp | src/auth/auth.service.ts:39 | A 10-character number gets the `91` prefix. Any other is sent unchanged. |
| Auth.MobileForOtpNormalizesBack | src/auth/auth.service.ts:71 | For a 10-digit number, the driver service's normalisation maps the prefixed number back to it. |
| Auth.SendOtpRequest | src/auth/auth.service.ts:33-41 | The gateway is called exactly when both the key and the template id are set, with the prefixed number. |
| Auth.SendOtp | src/auth/auth.service.ts:28-53 | Without credentials: the simulated message. Otherwise success, with "OTP sent successfully", exactly on a `success` answer. Every failure is the one "Failed to send OTP" error. |
| Auth.SendOtpWithoutCredentialsIgnoresGateway | src/auth/auth.service.ts:33-36 | Without credentials the result does not depend on the gateway. |
| Auth.VerifyOtpRequest | src/auth/auth.service.ts:63-76 | The gateway is asked exactly for a non-test login with the key set. |
| Auth.VerifyOtpDecision | src/auth/auth.service.ts:55-101 | Every rejection is Unauthorized. |
| Auth.TestCredentialAlwaysAccepted | src/auth/auth.service.ts:63-66 | Phone `1234567890` with OTP `123456` is accepted whatever the environment and the gateway say, and the gateway is not asked. |
| Auth.GatewayDecidesWhenKeySet | src/auth/auth.service.ts:69-89 | With the key set, the OTP is accepted exactly on a `success` answer. A failed call gives "OTP verification failed". A rejection gives the gateway's own message, or "Invalid OTP" when it has none. |
| Auth.FallbackWithoutKey | src/auth/auth.service.ts:91-101 | Without the key the gateway plays no part. Production always rejects with the configuration message. Otherwise exactly the non-empty OTPs are accepted. |
| Auth.LoginView | src/auth/auth.service.ts:135-147 | `is_driver` holds exactly when a profile exists or the roles include DRIVER. Id, phone, name, roles and `is_verified` are the user's. Status and driver id are null without a profile. With a profile, the status is the profile's, and the driver id is the profile's user id, or null when that is empty. |
| Auth.RegisteredDriverLogsInAsDriver | src/auth/auth.service.ts:144 | A user registered through the driver service is reported as a driver. |
| Auth.NewLoginUser | src/auth/auth.service.ts:115-119 | A first login creates a user with an empty name and roles `[RIDER]`. |
| Auth.NewLoginUserIsNotDriver | src/auth/auth.service.ts:144 | A user created by login and without a profile is not a driver. |
| Auth.AuthService.LoginVerified | src/auth/auth.service.ts:106-149 | Reuses the first user with the phone (`isNewUser` false). Otherwise creates exactly one `NewLoginUser` (`isNewUser` true). The token payload mirrors the user. Users stay unique. |
| Auth.AuthService.VerifyOtp | src/auth/auth.service.ts:55-104 | A rejected OTP returns the decision's error and creates nobody. An accepted one returns what `loginVerified` does: the first user with the phone and an unchanged table, or exactly one new `NewLoginUser`; the login view of that user and a payload mirroring it. |

## Left out

- JWT signing, the `fetch` calls to the SMS gateway, reading `process.env`, and all logging. The token payload, the gateway's parsed answer and the environment are inputs or outputs instead.
- Ids generated by the database: ride, user and document uuids. They are parameters, with a freshness precondition where the source relies on one.
- Document ids and the timestamps the database fills in.
- The `relations` joins (`tiers`, `driver`): a ride is returned without its driver row.
- The `current_location` text `POINT(lon lat)` is a `Point` value holding longitude then latitude. JavaScript's number-to-text formatting is not modelled.
- Rides.RideStore.GetMyRides: returns a set, so the order in which the database returns the rides is not modelled.
- `toLowerCase` is modelled on ASCII letters only. Other upper-case characters are kept as they are.
- String lengths count Unicode scalar values, while JavaScript's `length` counts UTF-16 code units. The two differ on characters outside the Basic Multilingual Plane, for example in `Auth.MobileForOtp`'s 10-character test.
- Numbers are mathematical reals, not IEEE-754 doubles, so floating-point rounding inside the fare is not modelled.
- A setting column `parseFloat` cannot read is `None` and leads to the non-numeric-fare error. Tier columns are always numbers in the model; NaN inside a tier is not modelled:
  - a NaN `km_from` or `km_to` makes the share to bill NaN, and the `> 0` test at `src/rides/rides.service.ts:66` skips the tier;
  - a NaN `km_from` also makes the sort comparator return NaN, so the sorted order is not defined;
  - a NaN tier `per_km_rate` passes the test, makes the distance cost NaN, and ends in the non-numeric-fare error.
- `Date` parsing of a document's expiry date: the date string is stored as given.
- The rider profile that `usersService.create` also creates for a RIDER: `src/users/users.service.ts` is not part of this model beyond the phone lookup.
- `getEarnings`, `getDailyBreakdown` and `getProfile` of the drivers service: date arithmetic, SQL aggregation and presentation.
- `getDriverDocuments` and `getDocumentById`: plain reads.
- Notifications are entries in a ghost log. The socket broadcast itself is not modelled.
- Shared tables: `AuthService` and `DriversService` each hold their own copy of the users and driver-profile tables, which the source shares through one database. No contract ties a registration to a later login through the tables; only the function-level `Auth.RegisteredDriverLogsInAsDriver` connects them.
- The `details` field of the `sendOtp` success reply, which echoes the gateway's whole answer: `Auth.SendOtp` returns only the message.
- Failures the database raises on `save`: the unique vehicle plate number, column length limits and enum columns. Every save in the model succeeds.
- Concurrency between requests: every service method runs as one atomic step.
