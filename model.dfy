/** The records of `data/model`: spaces, reservations and users. */
module Model {
  import opened Wrappers

  /** A point in time (`java.util.Date`), as milliseconds since the epoch. */
  type Timestamp = int

  /** The drawable resources a space can show (`R.drawable.*`); `NoImage`
      is the record's default value 0. */
  datatype ImageResource =
    | NoImage | SalonSocial | ZonaBbq | Gimnasio | Sauna | CanchaTenis | CanchaSintetica

  /** A bookable amenity. `imageUri` is the persisted picture, when one was
      chosen; `imageResource` is the fallback drawable. */
  datatype Space = Space(
    id: string,
    name: string,
    description: string,
    capacity: int,
    available: bool,
    imageResource: ImageResource,
    imageUri: Option<string>)

  datatype ReservationStatus = CONFIRMED | PENDING | CANCELLED

  /** The status a reservation gets when none is given. */
  const DefaultStatus := CONFIRMED

  /** A booking of one space by one user; `spaceName` is a copy of the
      space's name taken when the booking is made. */
  datatype Reservation = Reservation(
    id: string,
    spaceId: string,
    spaceName: string,
    userId: string,
    dateTime: Timestamp,
    status: ReservationStatus)

  /** A user profile as the document store keeps it; `rol` is "user" or "admin". */
  datatype User = User(
    id: string,
    name: string,
    lastName: string,
    email: string,
    phoneNumber: string,
    rol: string)
}
