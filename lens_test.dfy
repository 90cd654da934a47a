/**
 * The lenses of the two JUnit scenarios `simpleLens` and `lensComposition`:
 * one lens per record field, each built with `Lens.of` from the field's
 * getter and its wither, the three composite lenses that reach into the
 * nested booking, and the scenarios' assertions restated as lemmas. The
 * clock reading `LocalDateTime.now()` is the parameter `now`.
 */
module LensTest {
  import opened Lenses
  import opened Domain

  // Field lenses, one per getter / wither pair.

  function MovieTitleLens(): (l: Lens<Movie, string>)
    ensures Lawful(l)
    ensures forall m: Movie, t :: l.get(m) == m.title && l.Set(m, t) == m.WithTitle(t)
  {
    Lens.Of((m: Movie) => m.title, (m: Movie, t) => m.WithTitle(t))
  }

  function ShowMovieLens(): (l: Lens<Show, Movie>)
    ensures Lawful(l)
    ensures forall s: Show, m :: l.get(s) == s.movie && l.Set(s, m) == s.WithMovie(m)
  {
    Lens.Of((s: Show) => s.movie, (s: Show, m) => s.WithMovie(m))
  }

  function ShowDateTimeLens(): (l: Lens<Show, LocalDateTime>)
    ensures Lawful(l)
    ensures forall s: Show, t :: l.get(s) == s.dateTime && l.Set(s, t) == s.WithDateTime(t)
  {
    Lens.Of((s: Show) => s.dateTime, (s: Show, t) => s.WithDateTime(t))
  }

  function BookingShowLens(): (l: Lens<Booking, Show>)
    ensures Lawful(l)
    ensures forall b: Booking, s :: l.get(b) == b.show && l.Set(b, s) == b.WithShow(s)
  {
    Lens.Of((b: Booking) => b.show, (b: Booking, s) => b.WithShow(s))
  }

  function BookingSeatsLens(): (l: Lens<Booking, int>)
    ensures Lawful(l)
    ensures forall b: Booking, n :: l.get(b) == b.numSeats && l.Set(b, n) == b.WithNumSeats(n)
  {
    Lens.Of((b: Booking) => b.numSeats, (b: Booking, n) => b.WithNumSeats(n))
  }

  function UserNameLens(): (l: Lens<User, string>)
    ensures Lawful(l)
    ensures forall u: User, n :: l.get(u) == u.username && l.Set(u, n) == u.WithUsername(n)
  {
    Lens.Of((u: User) => u.username, (u: User, n) => u.WithUsername(n))
  }

  function UserEmailLens(): (l: Lens<User, string>)
    ensures Lawful(l)
    ensures forall u: User, e :: l.get(u) == u.emailId && l.Set(u, e) == u.WithEmailId(e)
  {
    Lens.Of((u: User) => u.emailId, (u: User, e) => u.WithEmailId(e))
  }

  function UserBookingLens(): (l: Lens<User, Booking>)
    ensures Lawful(l)
    ensures forall u: User, b :: l.get(u) == u.booking && l.Set(u, b) == u.WithBooking(b)
  {
    Lens.Of((u: User) => u.booking, (u: User, b) => u.WithBooking(b))
  }

  // Composite lenses.

  /** user -> booking -> show -> movie -> title */
  function ChangeMovieName(): (l: Lens<User, string>)
    ensures Lawful(l)
    ensures forall u: User :: l.get(u) == u.booking.show.movie.title
    ensures forall u: User, t: string ::
      l.Set(u, t) == u.WithBooking(u.booking.WithShow(u.booking.show.WithMovie(u.booking.show.movie.WithTitle(t))))
  {
    AndThenLawful(UserBookingLens(), BookingShowLens());
    AndThenLawful(UserBookingLens().AndThen(BookingShowLens()), ShowMovieLens());
    AndThenLawful(UserBookingLens().AndThen(BookingShowLens()).AndThen(ShowMovieLens()), MovieTitleLens());
    UserBookingLens().AndThen(BookingShowLens()).AndThen(ShowMovieLens()).AndThen(MovieTitleLens())
  }

  /** user -> booking -> show -> dateTime */
  function ChangeShowDateTime(): (l: Lens<User, LocalDateTime>)
    ensures Lawful(l)
    ensures forall u: User :: l.get(u) == u.booking.show.dateTime
    ensures forall u: User, t: LocalDateTime ::
      l.Set(u, t) == u.WithBooking(u.booking.WithShow(u.booking.show.WithDateTime(t)))
  {
    AndThenLawful(UserBookingLens(), BookingShowLens());
    AndThenLawful(UserBookingLens().AndThen(BookingShowLens()), ShowDateTimeLens());
    UserBookingLens().AndThen(BookingShowLens()).AndThen(ShowDateTimeLens())
  }

  /** user -> booking -> numSeats */
  function ChangeBookingSeats(): (l: Lens<User, int>)
    ensures Lawful(l)
    ensures forall u: User :: l.get(u) == u.booking.numSeats
    ensures forall u: User, n: int ::
      l.Set(u, n) == u.WithBooking(u.booking.WithNumSeats(n))
  {
    AndThenLawful(UserBookingLens(), BookingSeatsLens());
    UserBookingLens().AndThen(BookingSeatsLens())
  }

  // The scenarios.

  /** `simpleLens`: read the user name, then write a new one through the lens. */
  lemma SimpleLens(now: LocalDateTime)
    ensures var user := User("johndoe", "jdoe@example.com", Booking(Show(Movie("foo bar"), now), 2));
      && UserNameLens().get(user) == "johndoe"
      && UserNameLens().Set(user, "janedoe").username == "janedoe"
      && UserNameLens().Set(user, "janedoe").WithUsername("johndoe") == user
  {
  }

  /** The first `mod` of `lensComposition`: the title becomes "street race", nothing else changes. */
  lemma ModMovieName(u: User)
    ensures ChangeMovieName().Mod(u, _ => "street race")
         == u.WithBooking(u.booking.WithShow(u.booking.show.WithMovie(Movie("street race"))))
  {
  }

  /** The second `mod`: the show's date-time becomes 2021-10-14T05:30, nothing else changes. */
  lemma ModShowDateTime(u: User)
    ensures ChangeShowDateTime().Mod(u, _ => LocalDateTimeOf(2021, 10, 14, 5, 30))
         == u.WithBooking(u.booking.WithShow(u.booking.show.WithDateTime(LocalDateTime(2021, 10, 14, 5, 30, 0, 0))))
  {
  }

  /** The third `mod`: the seat count becomes 3, nothing else changes. */
  lemma ModBookingSeats(u: User)
    ensures ChangeBookingSeats().Mod(u, _ => 3) == u.WithBooking(u.booking.WithNumSeats(3))
  {
  }

  /**
   * `lensComposition`: three `mod` calls through the composite lenses, each
   * landing its constant at the end of its path; the user is rebound to each
   * result in turn, and the later calls keep the earlier changes.
   */
  lemma LensComposition(now: LocalDateTime)
    ensures
      var user0 := User("johndoe", "jdoe@example.com", Booking(Show(Movie("shawshank redemption"), now), 2));
      var user1 := ChangeMovieName().Mod(user0, _ => "street race");
      var user2 := ChangeShowDateTime().Mod(user1, _ => LocalDateTimeOf(2021, 10, 14, 5, 30));
      var user3 := ChangeBookingSeats().Mod(user2, _ => 3);
      && user1.booking.show.movie.title == "street race"
      && user2.booking.show.dateTime == LocalDateTime(2021, 10, 14, 5, 30, 0, 0)
      && user3.booking.numSeats == 3
      && user3 == User("johndoe", "jdoe@example.com",
                       Booking(Show(Movie("street race"), LocalDateTime(2021, 10, 14, 5, 30, 0, 0)), 3))
  {
    var user0 := User("johndoe", "jdoe@example.com", Booking(Show(Movie("shawshank redemption"), now), 2));
    ModMovieName(user0);
    var user1 := ChangeMovieName().Mod(user0, _ => "street race");
    ModShowDateTime(user1);
    var user2 := ChangeShowDateTime().Mod(user1, _ => LocalDateTimeOf(2021, 10, 14, 5, 30));
    ModBookingSeats(user2);
  }
}
