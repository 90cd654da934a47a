# Lenses over an immutable booking model

This project models a small lens library and the example domain it runs over.

A lens `Lens<S, A>` pairs a getter `S -> A` with a wither `(S, A) -> S`. The wither returns a copy of the `S` with the addressed `A` replaced. `Lens.of(getter, wither)` builds one. Three operations come for free:

- `set` writes a value.
- `mod` writes a function of the present value.
- `andThen` composes a `Lens<S, A>` with a `Lens<A, B>` into a `Lens<S, B>` that reaches one level deeper.

The example domain is a chain of immutable records: `User(username, emailId, booking)`, `Booking(show, numSeats)`, `Show(movie, dateTime)` and `Movie(title)`. Each record has one `withX` wither per field.

The two JUnit scenarios are restated as lemmas:

- `simpleLens` reads and writes a user name.
- `lensComposition` builds composite lenses 2, 3 and 4 levels deep, and applies a `mod` through each of them.

Files:

- `lens.dfy` (module `Lenses`): the `Lens` datatype, whose constructor `Of` is `Lens.of`; `Set`, `Mod` and `AndThen`; the three lens laws as predicates; the lemmas that the laws survive composition, that composition is associative, and how `mod` behaves.
- `domain.dfy` (module `Domain`): the four records, their withers, and `LocalDateTime` as a plain record of integers.
- `lens_test.dfy` (module `LensTest`): the eight field lenses, the three composite lenses, and the scenario lemmas.

The sources of `Lens` and of the domain classes are not part of this model. Their behaviour is reconstructed from how `LensTest.java` uses them:

- `get` and `set` apply the getter and the wither.
- `mod(s, f)` is `set(s, f(get(s)))`.
- `andThen` reads the inner field of the outer field. It writes by replacing the inner field inside the outer field and putting that outer field back.

The lens laws are:

1. get-set: reading after a write returns what was written.
2. set-get: writing back the present value changes nothing.
3. set-set: a later write overrides an earlier one.

They are a design obligation on whoever calls `Lens.of`; nothing checks them at run time. The model therefore states them as predicates and proves them for every lens the scenarios build. It does not assume them for lenses in general.

## Model

| member | source | states |
|---|---|---|
| Lenses.Lens.Set | app/src/test/java/lens/LensTest.java:18-19 | for a lens obeying get-set, reading the result gives back the value written; for a lens obeying set-get, writing the value already present returns the original value |
| Lenses.Lens.Mod | app/src/test/java/lens/LensTest.java:57-63 | under get-set, the addressed field of the result is `f` applied to the old field; under set-get, a transform that keeps the field keeps the whole value; under set-set, any later write erases the modification |
| Lenses.Lens.AndThen | app/src/test/java/lens/LensTest.java:28-32 | the composite reads the inner lens's field of the outer lens's field; it writes by setting the inner field inside the outer field and setting that field back into the outer value; under get-set of the outer lens, the outer field after a write is the old one with the inner field replaced |
| Lenses.AndThenGetSet | app/src/test/java/lens/LensTest.java:49-51 | if both parts satisfy get-set, so does their composite |
| Lenses.AndThenSetGet | app/src/test/java/lens/LensTest.java:49-51 | if both parts satisfy set-get, so does their composite |
| Lenses.AndThenSetSet | app/src/test/java/lens/LensTest.java:49-51 | if the outer lens satisfies get-set and set-set and the inner lens satisfies set-set, the composite satisfies set-set |
| Lenses.AndThenLawful | app/src/test/java/lens/LensTest.java:49-51 | the composite of two lawful lenses is lawful |
| Lenses.AndThenAssociative | app/src/test/java/lens/LensTest.java:49-50 | `(l1.andThen(l2)).andThen(l3)` and `l1.andThen(l2.andThen(l3))` read and write identically on every input |
| Lenses.ModConstant | app/src/test/java/lens/LensTest.java:57-63 | `mod` with a constant function is `set` with that constant |
| Lenses.AndThenMod | app/src/test/java/lens/LensTest.java:57-63 | a `mod` through a composite is the outer `set` of the inner `mod` applied to the outer field |
| Lenses.ModFusion | app/src/test/java/lens/LensTest.java:57-63 | for a lens obeying get-set and set-set, two successive `mod`s are one `mod` by the composed function |
| Lenses.Decomposition | app/src/test/java/lens/LensTest.java:36-46 | a wither-built lens obeying set-get and set-set changes only its field: two values are equal if and only if their fields agree and writing the same field value into both gives equal results |
| Domain.LocalDateTimeOf | app/src/test/java/lens/LensTest.java:60 | `LocalDateTime.of(y, mo, d, h, mi)` holds exactly those fields, with second and nanosecond zero |
| Domain.Movie.WithTitle | app/src/test/java/lens/LensTest.java:36 | the copy has the given title |
| Domain.Show.WithMovie | app/src/test/java/lens/LensTest.java:38 | the copy has the given movie and the original date-time |
| Domain.Show.WithDateTime | app/src/test/java/lens/LensTest.java:39 | the copy has the given date-time and the original movie |
| Domain.Booking.WithShow | app/src/test/java/lens/LensTest.java:41 | the copy has the given show and the original seat count |
| Domain.Booking.WithNumSeats | app/src/test/java/lens/LensTest.java:42 | the copy has the given seat count and the original show |
| Domain.User.WithUsername | app/src/test/java/lens/LensTest.java:13 | the copy has the given user name and the original e-mail and booking |
| Domain.User.WithEmailId | app/src/test/java/lens/LensTest.java:45 | the copy has the given e-mail and the original user name and booking |
| Domain.User.WithBooking | app/src/test/java/lens/LensTest.java:46 | the copy has the given booking and the original user name and e-mail |
| LensTest.MovieTitleLens | app/src/test/java/lens/LensTest.java:36 | the lens built from `title` and `withTitle` is lawful and reads and writes the movie's title |
| LensTest.ShowMovieLens | app/src/test/java/lens/LensTest.java:38 | the lens built from `movie` and `withMovie` is lawful and reads and writes the show's movie |
| LensTest.ShowDateTimeLens | app/src/test/java/lens/LensTest.java:39 | the lens built from `dateTime` and `withDateTime` is lawful and reads and writes the show's date-time |
| LensTest.BookingShowLens | app/src/test/java/lens/LensTest.java:41 | the lens built from `show` and `withShow` is lawful and reads and writes the booking's show |
| LensTest.BookingSeatsLens | app/src/test/java/lens/LensTest.java:42 | the lens built from `numSeats` and `withNumSeats` is lawful and reads and writes the seat count |
| LensTest.UserNameLens | app/src/test/java/lens/LensTest.java:13 | the lens built from `username` and `withUsername` is lawful and reads and writes the user name |
| LensTest.UserEmailLens | app/src/test/java/lens/LensTest.java:45 | the lens built from `emailId` and `withEmailId` is lawful and reads and writes the e-mail |
| LensTest.UserBookingLens | app/src/test/java/lens/LensTest.java:46 | the lens built from `booking` and `withBooking` is lawful and reads and writes the booking |
| LensTest.ChangeMovieName | app/src/test/java/lens/LensTest.java:49 | the 4-level composite is lawful; it reads `booking.show.movie.title`; its write equals the hand-written nested wither chain `withBooking(withShow(withMovie(withTitle(t))))` |
| LensTest.ChangeShowDateTime | app/src/test/java/lens/LensTest.java:50 | the 3-level composite is lawful; it reads `booking.show.dateTime`; its write equals `withBooking(withShow(withDateTime(t)))` |
| LensTest.ChangeBookingSeats | app/src/test/java/lens/LensTest.java:51 | the 2-level composite is lawful; it reads `booking.numSeats`; its write equals `withBooking(withNumSeats(n))` |
| LensTest.SimpleLens | app/src/test/java/lens/LensTest.java:10-19 | the name lens reads "johndoe"; after writing "janedoe" the user name is "janedoe"; writing "johndoe" back gives the original user |
| LensTest.ModMovieName | app/src/test/java/lens/LensTest.java:57-58 | for every user, `mod(_, s -> "street race")` through the 4-level composite sets the title to "street race" and changes nothing else |
| LensTest.ModShowDateTime | app/src/test/java/lens/LensTest.java:60-61 | for every user, the `mod` with the constant 2021-10-14T05:30 sets the date-time to that value and changes nothing else |
| LensTest.ModBookingSeats | app/src/test/java/lens/LensTest.java:63-64 | for every user, `mod(_, s -> 3)` sets the seat count to 3 and changes nothing else |
| LensTest.LensComposition | app/src/test/java/lens/LensTest.java:53-64 | after the three `mod`s the title is "street race", the date-time is 2021-10-14T05:30 and the seat count is 3; the final user keeps every earlier change and the original name and e-mail |

## Left out

- The JUnit harness (`@Test`, `Assertions`). Each assertion is a lemma's `ensures` instead.
- `LocalDateTime.now()`. It reads the clock, so the scenario lemmas take the current time as the parameter `now`.
- `LocalDateTime.toString()` and its ISO 8601 rendering. The assertion at line 61 is stated on the structured value 2021-10-14T05:30:00.
- Domain.LocalDateTimeOf: does not model the range checks of `java.time.LocalDateTime.of`, which throws on an invalid month, day, hour or minute. The test only calls it with valid constants.
- Java `null`. The model's records cannot hold null fields and its lenses cannot be null.
- Java `int` / `Integer` width. `numSeats` is an unbounded integer, and the test only uses 2 and 3.
- Object identity and in-place mutation. Every value is a Dafny datatype value, so the requirement that `set` and `mod` leave their argument unchanged holds by construction and is not stated separately.
- Reflection and method-reference mechanics (`User::withUsername`). These are plain Dafny lambdas over the withers.
- The sources of `Lens`, `User`, `Booking`, `Show` and `Movie` are not part of this model. Their behaviour is reconstructed from `LensTest.java`.
- Lens equality. Dafny has no function extensionality, so `l1.AndThen(l2).AndThen(l3) == l1.AndThen(l2.AndThen(l3))` cannot be proved as an equation between lens values; associativity is stated pointwise, on every `get` and `set` result.
- An identity lens and a run-time law checker. Neither appears in the source.
