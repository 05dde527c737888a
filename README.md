# User and device directories, modelled in Dafny

This project models the business logic of the two CRUD services of an
energy-grid application. Each service's repositories are treated as
in-memory tables.

- **Users microservice** (`UserServiceImpl`). The user table is the map
  `UserService.users` from user id to user record. The service can:
  - create a user, with the password encoded and the role defaulting to USER;
  - look a user up by id, username or email;
  - overwrite a user in full (`updateUser`);
  - merge a partial update (`updateAllUser`): fields of the nested DTO are
    applied first, then top-level fields override them;
  - assign a role by name, or set a role value directly;
  - delete a user;
  - check credentials at login and logout. Both fail with one generic error.

  The password encoder is the two-function record `PasswordEncoder`.
  `Sound` states the one property the service relies on: a password matches
  its own encoding. The service's invariant `Valid()` keeps it.

- **Devices microservice** (`DeviceServiceImpl`). `DeviceService` holds a
  device table and the microservice's own user table. Its rules on
  references are:
  - a device is created only for an existing owner;
  - an update checks the device first, then the owner;
  - a delete needs the device to exist;
  - listing by owner returns exactly that owner's devices.

  `OwnersExist()` says every device's owner is in the user table. Add,
  update and delete all preserve it.

Each service is a class whose methods update their tables in place. Every
method states its whole new state, including what it leaves unchanged. It
also states each error case, with its message and the state it leaves
behind. Read-only operations are functions, or methods that modify nothing.

Three behaviours of the code are worth noting:
- `updateUser` with a null id raises "User ID is missing"
  (`UserServiceImpl.java:75-77`).
- `assignRole` raises "Role not found" for a name that is not a role
  (`UserServiceImpl.java:98-102`).
- `logout` saves the record back unchanged (`UserServiceImpl.java:196`).
  The model proves that this save leaves the table unchanged.

Files: `common.dfy` (results and errors), `users.dfy` (module
`UserDirectory`), `devices.dfy` (module `DeviceDirectory`).

## Model

| member | source | states |
|---|---|---|
| `UserDirectory.ParseRole` | Assigment1/UsersMicroServices/UsersMicroServices/src/main/java/com/example/UsersMicroServices/service/UserServiceImpl.java:98-102 | parsing a role name yields exactly the role declared under that name, and nothing when no role has that name |
| `UserDirectory.UserService.constructor` | Assigment1/UsersMicroServices/UsersMicroServices/src/main/java/com/example/UsersMicroServices/service/UserServiceImpl.java:34-37 | a service built over a sound encoder starts valid, with an empty table |
| `UserDirectory.UserService.GetAllUsers` | Assigment1/UsersMicroServices/UsersMicroServices/src/main/java/com/example/UsersMicroServices/service/UserServiceImpl.java:40-42 | lists every stored record, and only those, each being the record stored under its own id |
| `UserDirectory.UserService.GetUserById` | Assigment1/UsersMicroServices/UsersMicroServices/src/main/java/com/example/UsersMicroServices/service/UserServiceImpl.java:45-48 | succeeds exactly when the id is stored and then returns that record; otherwise fails with "User not found" |
| `UserDirectory.UserService.FindByUsername` | Assigment1/UsersMicroServices/UsersMicroServices/src/main/java/com/example/UsersMicroServices/service/UserServiceImpl.java:52-54 | returns null exactly when no record has the username; otherwise returns a stored record with that username |
| `UserDirectory.UserService.FindByEmail` | Assigment1/UsersMicroServices/UsersMicroServices/src/main/java/com/example/UsersMicroServices/service/UserServiceImpl.java:57-59 | returns null exactly when no record has the email; otherwise returns a stored record with that email |
| `UserDirectory.UserService.CreateUser` | Assigment1/UsersMicroServices/UsersMicroServices/src/main/java/com/example/UsersMicroServices/service/UserServiceImpl.java:62-71 | adds one record under a fresh id. The record holds the input's username, email and telephone, the encoded password (which matches the raw one) and the role USER. Looking the new id up returns the same record |
| `UserDirectory.UserService.UpdateUser` | Assigment1/UsersMicroServices/UsersMicroServices/src/main/java/com/example/UsersMicroServices/service/UserServiceImpl.java:74-85 | a null id gives "User ID is missing" and an unknown id gives "User not found"; neither changes the table. Otherwise the user gets the input's username, email and telephone and a freshly encoded password; the id, the role and all other users stay the same |
| `UserDirectory.UserService.DeleteUser` | Assigment1/UsersMicroServices/UsersMicroServices/src/main/java/com/example/UsersMicroServices/service/UserServiceImpl.java:90-93 | removes exactly that id from the table; looking the id up afterwards fails with "User not found" |
| `UserDirectory.UserService.AssignRole` | Assigment1/UsersMicroServices/UsersMicroServices/src/main/java/com/example/UsersMicroServices/service/UserServiceImpl.java:96-105 | an unknown id gives "User not found", even when the role name is also bad. A bad name for a known user gives "Role not found". Neither failure changes the table. Otherwise only that user's role changes, to the role with that name |
| `UserDirectory.UserService.UpdateUserRole` | Assigment1/UsersMicroServices/UsersMicroServices/src/main/java/com/example/UsersMicroServices/service/UserServiceImpl.java:108-117 | returns null exactly when the id is unknown, and then changes nothing; otherwise only that user's role changes, to the given value (which may be null) |
| `UserDirectory.UserService.UpdateAllUser` | Assigment1/UsersMicroServices/UsersMicroServices/src/main/java/com/example/UsersMicroServices/service/UserServiceImpl.java:120-162 | an unknown id gives "User not found" and no change. Otherwise the sequence of conditional writes stores the record given by the precedence rule `Merged`. For each of username, email, password and telephone that rule takes the top-level value if set, else the nested value if set, else the stored value; a password is stored encoded. The role changes only through the top-level field. All other users stay the same |
| `UserDirectory.UserService.Login` | Assigment1/UsersMicroServices/UsersMicroServices/src/main/java/com/example/UsersMicroServices/service/UserServiceImpl.java:167-181 | every failure is the same "Authentication failed" error with the list ["Invalid username or password."], whether the username was unknown or the password did not match. A success returns a stored record with that username whose password matches. When at most one record has that username, login succeeds exactly when the credentials match a stored record |
| `UserDirectory.UserService.Logout` | Assigment1/UsersMicroServices/UsersMicroServices/src/main/java/com/example/UsersMicroServices/service/UserServiceImpl.java:184-198 | fails with the same generic error exactly when no record has the username; saving the record back leaves the table unchanged |
| `UserDirectory.CreatedUserCanLogIn` | Assigment1/UsersMicroServices/UsersMicroServices/src/main/java/com/example/UsersMicroServices/service/UserServiceImpl.java:167-180 | take any valid table in which no record yet has the new username. Creating a user there and then logging in with the same username and password succeeds, and the record has the role USER |
| `DeviceDirectory.DeviceService.constructor` | Assigment1/DevicesMicroservices/DevicesMicroservices/src/main/java/com/example/DevicesMicroservices/service/DeviceServiceImpl.java:24-27 | a service over a given user table starts valid, with no devices, and meets the reference invariant |
| `DeviceDirectory.DeviceService.GetAllDevices` | Assigment1/DevicesMicroservices/DevicesMicroservices/src/main/java/com/example/DevicesMicroservices/service/DeviceServiceImpl.java:30-32 | lists every stored device, and only those, each being the device stored under its own id |
| `DeviceDirectory.DeviceService.GetDeviceById` | Assigment1/DevicesMicroservices/DevicesMicroservices/src/main/java/com/example/DevicesMicroservices/service/DeviceServiceImpl.java:35-39 | succeeds exactly when the id is stored and then returns that device; otherwise fails with "Device not found" |
| `DeviceDirectory.DeviceService.AddDevice` | Assigment1/DevicesMicroservices/DevicesMicroservices/src/main/java/com/example/DevicesMicroservices/service/DeviceServiceImpl.java:42-51 | fails with "User not found" exactly when the owner is not in the user table, and then saves nothing. Otherwise it adds exactly one device under a fresh id, with the input's fields and that owner. The user table never changes and the reference invariant is preserved |
| `DeviceDirectory.DeviceService.UpdateDevice` | Assigment1/DevicesMicroservices/DevicesMicroservices/src/main/java/com/example/DevicesMicroservices/service/DeviceServiceImpl.java:54-68 | an unknown device gives "Device not found", whatever the owner. A known device with an unknown owner gives "User not found". Neither failure changes anything. Otherwise only that device changes: its description, address, consumption and owner become the input's and its id is kept. The reference invariant is preserved |
| `DeviceDirectory.DeviceService.DeleteDevice` | Assigment1/DevicesMicroservices/DevicesMicroservices/src/main/java/com/example/DevicesMicroservices/service/DeviceServiceImpl.java:71-75 | fails with "Device not found" exactly when the id is unknown. Otherwise it removes exactly that device. The user table never changes and the reference invariant is preserved |
| `DeviceDirectory.DeviceService.GetAllDevicesByUser` | Assigment1/DevicesMicroservices/DevicesMicroservices/src/main/java/com/example/DevicesMicroservices/service/DeviceServiceImpl.java:78-89 | fails with "User not found" exactly when the user is unknown. Otherwise it lists only stored devices of that owner, and every one of them. Ids strictly increase along the list, and its length equals the number of devices the owner has, so each device appears once |
| `DeviceDirectory.OwnedIds` | Assigment1/DevicesMicroservices/DevicesMicroservices/src/main/java/com/example/DevicesMicroservices/service/DeviceServiceImpl.java:83 | the repository query behind the listing: in strictly increasing order, exactly the ids below a bound whose devices the owner owns |
| `DeviceDirectory.IncreasingHasNoRepeats` | Assigment1/DevicesMicroservices/DevicesMicroservices/src/main/java/com/example/DevicesMicroservices/service/DeviceServiceImpl.java:86-88 | a strictly increasing list of ids has as many entries as distinct ids, which gives the listing one entry per device |

## Left out

- Framework wiring: dependency injection, the unused configuration field and the stray GUI import have no behaviour.
- Persistence: each repository is a map, and a counter hands out fresh ids. Database uniqueness constraints, the conflicts they raise and transaction isolation are not modelled. The service performs no uniqueness checks, and the model adds none.
- Password hashing: the encoder is an abstract pair of functions with the one property `Sound`. BCrypt's hashing and random salts are not modelled, so `encode` is deterministic.
- Input mappers: `UserMapper.toCreateEntity` and `DeviceMapper.toCreationEntity` are not part of this model. `CreateUser` assumes that `UserMapper.toCreateEntity` copies username, email, password and telephone from the creation input and leaves the role null. `AddDevice` assumes that `DeviceMapper.toCreationEntity` copies description, address and consumption and sets the given user as owner.
- Output mappers: the mappers that build the returned objects are not part of this model. Every view carries the whole record, and nothing is claimed about which fields the wire form keeps or drops.
- Exception formatting: every failure is an `Error` value carrying its message. Of the structured exception's status, only NOT_FOUND is modelled.
- Role enumeration: its declaration is not part of this model. Its members are taken to be USER and ADMIN, matched by exact name.
- Null ids: every id is a natural number. A null id passed to a repository lookup (which throws in Java) and the 64-bit width of ids are not modelled.
- `UserDirectory.UserService.UpdateUser`: requires the username, email, password and telephone of the input to be present. For a null among them, Java writes the null into the record, or the encoder rejects a null password. The record's fields are non-null strings here, so neither outcome is modelled.
- `UserDirectory.UserService.CreateUser`: the creation input's four fields are non-null strings here; null inputs are not modelled.
- `UserDirectory.UserService.AssignRole`: a null role name makes Java's enum parsing throw a null-pointer exception, which escapes the service; not modelled.
- `UserDirectory.UserService.DeleteUser`: deleting an unknown id is a no-op, as in current versions of the repository library. Older versions threw, and that is not modelled. Deleting a user does not touch the devices microservice's tables.
- `UserDirectory.UserService.FindByUsername`: when several records share a username, the repository's single-result query may throw; the model returns one of them instead. `Login` and `Logout` inherit this. For that reason the "succeeds exactly when the credentials match" property of `Login` is stated under the hypothesis that at most one record has the username given.
- `UserDirectory.UserService.FindByEmail`: when several records share an email, the repository's single-result query may throw; the model returns one of them instead.
- `DeviceDirectory.DeviceService.GetAllDevicesByUser`: the list is in ascending id order; the repository query promises no order.
- Device consumption: its type is not part of this model, so it is an opaque value that is copied through. The device-side user record is modelled by its id alone.
