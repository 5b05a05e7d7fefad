/** Records the client receives from the hosted backend, and the JavaScript
    truthiness rule the components apply to optional string fields. */
module Entities {

  /** An optional value: `None` stands for JavaScript's `undefined` or `null`. */
  datatype Option<T> = None | Some(value: T)

  /** A JavaScript string value is truthy when it is present and not empty. */
  predicate Truthy(v: Option<string>)
  {
    v.Some? && v.value != ""
  }

  /** JavaScript `v || fallback` for an optional string. */
  function OrElse(v: Option<string>, fallback: string): string
  {
    if Truthy(v) then v.value else fallback
  }

  /** JavaScript `v || []` for an optional list. */
  function OrEmpty<T>(v: Option<seq<T>>): seq<T>
  {
    if v.Some? then v.value else []
  }

  /** The `user_metadata` object a user carries. */
  datatype Metadata = Metadata(role: Option<string>, fullName: Option<string>, language: Option<string>)

  /** A user record as the authentication service returns it. */
  datatype User = User(id: string, email: Option<string>, metadata: Option<Metadata>)

  /** A row of the `appointments` table; `date` is the scheduled instant as a timestamp. */
  datatype Appointment = Appointment(id: string, userId: string, providerId: string,
                                     date: int, status: string, notes: Option<string>)

  /** A row of the `health_data` table; `payload` is opaque to the client. */
  datatype HealthRecord = HealthRecord(id: string, userId: string, timestamp: int, payload: string)

  function AppointmentId(a: Appointment): string { a.id }

  function HealthRecordId(h: HealthRecord): string { h.id }

  /** `user?.user_metadata?.role` */
  function RoleField(u: User): Option<string>
  {
    if u.metadata.Some? then u.metadata.value.role else None
  }

  /** `user?.user_metadata?.full_name` */
  function FullNameField(u: Option<User>): Option<string>
  {
    if u.Some? && u.value.metadata.Some? then u.value.metadata.value.fullName else None
  }

  /** `user?.user_metadata?.language` */
  function LanguageField(u: Option<User>): Option<string>
  {
    if u.Some? && u.value.metadata.Some? then u.value.metadata.value.language else None
  }

  /** `user?.email` */
  function EmailField(u: Option<User>): Option<string>
  {
    if u.Some? then u.value.email else None
  }
}
