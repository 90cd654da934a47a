/**
 * The example domain the lenses run over: a user holds a booking, a booking
 * holds a show and a seat count, a show holds a movie and a date-time, and a
 * movie holds a title. Every record is immutable; each `WithX` "wither"
 * returns a copy with the one field `x` replaced and every other field kept.
 */
module Domain {

  /**
   * A local date-time as the plain fields of `java.time.LocalDateTime`.
   * `LocalDateTime.of(year, month, day, hour, minute)` is the value with
   * `second` and `nano` zero.
   */
  datatype LocalDateTime = LocalDateTime(year: int, month: int, day: int, hour: int, minute: int, second: int, nano: int)

  function LocalDateTimeOf(year: int, month: int, day: int, hour: int, minute: int): (t: LocalDateTime)
    ensures t.year == year && t.month == month && t.day == day && t.hour == hour && t.minute == minute
    ensures t.second == 0 && t.nano == 0
  {
    LocalDateTime(year, month, day, hour, minute, 0, 0)
  }

  datatype Movie = Movie(title: string) {
    function WithTitle(title': string): (m: Movie)
      ensures m.title == title'
    {
      Movie(title')
    }
  }

  datatype Show = Show(movie: Movie, dateTime: LocalDateTime) {
    function WithMovie(movie': Movie): (s: Show)
      ensures s.movie == movie' && s.dateTime == dateTime
    {
      this.(movie := movie')
    }

    function WithDateTime(dateTime': LocalDateTime): (s: Show)
      ensures s.dateTime == dateTime' && s.movie == movie
    {
      this.(dateTime := dateTime')
    }
  }

  datatype Booking = Booking(show: Show, numSeats: int) {
    function WithShow(show': Show): (b: Booking)
      ensures b.show == show' && b.numSeats == numSeats
    {
      this.(show := show')
    }

    function WithNumSeats(numSeats': int): (b: Booking)
      ensures b.numSeats == numSeats' && b.show == show
    {
      this.(numSeats := numSeats')
    }
  }

  datatype User = User(username: string, emailId: string, booking: Booking) {
    function WithUsername(username': string): (u: User)
      ensures u.username == username' && u.emailId == emailId && u.booking == booking
    {
      this.(username := username')
    }

    function WithEmailId(emailId': string): (u: User)
      ensures u.emailId == emailId' && u.username == username && u.booking == booking
    {
      this.(emailId := emailId')
    }

    function WithBooking(booking': Booking): (u: User)
      ensures u.booking == booking' && u.username == username && u.emailId == emailId
    {
      this.(booking := booking')
    }
  }
}
