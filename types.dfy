/**
 * The records the client exchanges with the API (types/types.ts), reduced to
 * the fields the modelled logic reads or copies.  Timestamps and the nested
 * records a page only displays are left out.  A driver's assigned bus is the
 * nested bus record or absent; an object is always truthy, so the client's
 * `!driver.assignedBus` is the test `assignedBus.None?`.
 */
module Types {
  import opened Wrappers

  datatype UserRole = SuperAdmin | SchoolAdmin

  /** The signed-in identity; `schoolId` is set for school administrators. */
  datatype User = User(id: string, name: string, email: string, role: UserRole, schoolId: Option<string>)

  /** The body of a successful sign-in or sign-up. */
  datatype LoginResult = LoginResult(user: User, accessToken: string, refreshToken: Option<string>)

  datatype School = School(id: string, name: string, address: string, contact: string)

  /**
   * The body the create and edit dialogs post for a school; the create
   * dialog's key for the name is `schoolName`, the edit dialog's `name`.
   */
  datatype SchoolPayload = SchoolPayload(name: string, address: string, contact: string)

  /** A school administrator account as the super-admin pages list it. */
  datatype SchoolAdminAccount = SchoolAdminAccount(
    id: string, name: string, email: string, schoolId: string,
    phone: Option<string>, address: Option<string>)

  datatype Bus = Bus(
    id: string, busNumber: string, capacity: int, model: Option<string>,
    plateNumber: string, driverId: Option<string>)

  datatype Driver = Driver(id: string, name: string, licenseNumber: string, assignedBus: Option<Bus>)

  /** `schoolAdminId` is not declared in types/types.ts; the route page reads it through a cast. */
  datatype Route = Route(
    id: string, name: string, description: Option<string>, startStop: string, endStop: string,
    stops: Option<seq<string>>, schoolId: Option<string>, schoolAdminId: Option<string>,
    busId: Option<string>)

  /** A child record; the source field `class` is `className` here. */
  datatype Child = Child(
    id: string, name: string, className: string, pickupStop: string, dropStop: string,
    parentId: string, busId: Option<string>, routeId: Option<string>)
}
